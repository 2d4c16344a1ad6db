# claude-code-adaptor: the protocol-translation core, in Dafny

claude-code-adaptor is a gateway. It accepts Anthropic Messages API requests and forwards them to an
OpenAI-compatible Chat Completions backend, or to a Qwen backend. It translates the replies back,
both whole and streamed, and it answers the count-tokens endpoint with a local estimate.

This project models the translation layer of that gateway as pure Dafny functions and proves what
each translation keeps, drops, and defaults. It covers:

- `ClaudeToQwenAdapter`, which turns a legacy Claude request into a Qwen request (`RequestAdapter`);
- `QwenToClaudeAdapter`, which turns a Qwen response into a legacy Claude response (`ResponseAdapter`);
- `OpenAIToClaudeMessagesAdapter`, which turns a Chat Completions response into a Messages response
  (`OpenAIResponseAdapter`);
- `OpenAIStreamToClaudeStreamAdapter`, which turns one streamed chunk into one Messages stream event
  (`StreamAdapter`);
- `TokenCounter`, the count-tokens estimate (`TokenCounter`);
- the decisions inside the HTTP handlers (`Proxy`):
  - streamed or not;
  - which failure gives which status;
  - what each upstream chunk of an event stream becomes downstream;
  - the 404 fallback.

The records of the four wire formats are datatypes: `OpenAI`, `ClaudeMessages`, `Claude`, `Qwen` and
`CountTokensModel`. `Base` holds `Option`, `Result`, `Outcome` and the machine-number types. `Json`
holds `serde_json::Value` and the codec. `Text` holds the `str` operations the code relies on:
`starts_with`, `trim_start_matches`, `trim`, `split_whitespace` and ASCII `to_lowercase`.

serde is not defined here. Parsing and printing JSON (`Json.Codec`), parsing a stream chunk and
printing an event (`Proxy.StreamCodec`) are function-valued parameters, so every property holds for
any parser and printer. The same goes for the parts of the proxy this model does not contain
(`Proxy.Env`):
- the Messages-to-OpenAI request adapter, `ClaudeMessagesToOpenAIAdapter`, which is not part of this
  model;
- the HTTP round trip;
- decoding of the non-streamed body.

A panic in the source (indexing an empty list) is the `Panic` outcome of `Base.Outcome`. In a handler
it is the `Crash` reply. Inside the stream it ends the stream. axum's `Event::data` also panics when
the event data contains a carriage return, and that too ends the stream.

Three behaviours of the code shape the streamed side:

- The stream adapter keeps no state between chunks. It is a function of one chunk, and the proxy
  maps it over the upstream chunks one by one.
- The adapter reads `choices[0]` before it tests for an empty list. So the backend's terminal usage
  chunk (no choices, usage present) panics and ends the stream, and the usage branch never runs (see
  Findings). `Proxy.HandleStream` runs the adapter as written. `Proxy.HandleStreamCorrected` runs
  the corrected adapter, and `Proxy.AsWrittenStreamIsPrefix` relates the two streams.
- The `[DONE]` signal is forwarded as an event whose data is the bare `[DONE]`: every leading
  `data: ` and the surrounding whitespace are stripped.

## Verifying

All `.dfy` files are verified together, with a resource limit in place of Dafny's default time limit:

    dafny verify --resource-limit 2000000 --verification-time-limit 0 --warn-contradictory-assumptions *.dfy

Under the default 30-second limit per batch, a loaded machine can time out on the larger proofs.

## Model

| member | source | states |
|---|---|---|
| OpenAI.RoleName | src/models/openai.rs:46-55 | Every role's display name is non-empty and has no upper-case letter. |
| OpenAI.ParseRole | src/models/openai.rs:37-44 | Reading a lowercase role name gives only a role whose display name is that text. |
| OpenAI.RoleNameRoundTrip | src/models/openai.rs:37-55 | Every role reads back from its display name, so display and serde agree. |
| OpenAI.RoleNameInjective | src/models/openai.rs:46-55 | No two roles share a display name. |
| OpenAI.LowercasedRoleName | src/models/openai.rs:46-55 | Lowercasing a role's display name, as the adapters do, changes nothing. |
| OpenAI.UsageOrDefault | src/models/openai.rs:121-126 | A missing usage reads as all zeros, and a present one as itself. |
| Json.ParseOrNull | src/adapters/openai_response_adapter.rs:42-43 | Text that parses gives its value, and text that does not gives JSON null. |
| Text.TrimStartMatches | src/services/proxy_service.rs:158 | The result is a suffix of the input that no longer starts with the pattern, and an empty pattern removes nothing. |
| Text.TrimStartMatchesRemovesCopies | src/services/proxy_service.rs:158 | What was removed is a whole number of copies of the pattern. |
| Text.TrimStartMatchesCopies | src/services/proxy_service.rs:158 | Any number of leading copies of the pattern in front of a text that does not start with it strip back to exactly that text. |
| Text.TrimStartMatchesIdempotent | src/services/proxy_service.rs:158 | Stripping twice is stripping once. |
| Text.Trim | src/services/proxy_service.rs:158 | The result is no longer than the input and neither starts nor ends with whitespace. |
| Text.TrimCutsOnlyWhitespace | src/services/proxy_service.rs:158 | The trimmed text is a slice of the input, with only whitespace cut off on each side. |
| Text.TrimKeepsTrimmed | src/services/proxy_service.rs:158 | A string with no surrounding whitespace is left unchanged. |
| Text.TrimIdempotent | src/services/proxy_service.rs:158 | Trimming twice is trimming once. |
| Text.SplitWhitespace | src/services/token_counter.rs:66 | Every word is non-empty and contains no whitespace. The words put back together are the text with all whitespace removed. Where the words break is stated by the boundary lemmas below. |
| Text.SplitAtWhitespace | src/services/token_counter.rs:66 | Every whitespace character is a word boundary: the words of `a + [c] + b` are the words of `a` followed by the words of `b`. |
| Text.SplitOfWord | src/services/token_counter.rs:66 | A non-empty text without whitespace is a single word. |
| Text.SplitOfWhitespace | src/services/token_counter.rs:66 | A text of whitespace only has no words. |
| Text.SplitWhitespaceIsNonEmptyPieces | src/services/token_counter.rs:66 | The words are the text cut at every whitespace character with the empty pieces dropped, which is Rust's documented definition of `split_whitespace`. |
| Text.TwoWords | src/services/token_counter.rs:66 | Two words around one whitespace character split into exactly those two words. |
| Text.TwoWordsExample | src/services/token_counter.rs:66 | "ab cd" splits into "ab" and "cd". |
| Text.WordCountIsSplitLength | src/services/token_counter.rs:66 | The scanning word count equals the number of words `split_whitespace` yields. |
| Text.WordsFromPrefixMonotone | src/services/token_counter.rs:66 | Extending a text never lowers its word count. |
| Text.CountWords | src/services/token_counter.rs:66 | The counting loop returns the number of words `split_whitespace` yields. |
| Text.ToLowercase | src/adapters/openai_response_adapter.rs:53 | The length is kept, and every character is lowercased in place. |
| Text.ToLowercaseOfLowercase | src/adapters/openai_response_adapter.rs:53 | Text without upper-case letters is unchanged by lowercasing. |
| RequestAdapter.RoleMappingIsBijective | src/adapters/request_adapter.rs:41-45 | The role map is total and one to one: User, Assistant and System each map to their own kind and back. |
| RequestAdapter.MapMessages | src/adapters/request_adapter.rs:40-51 | One Qwen message per input message, in the same order, with the role mapped and the content unchanged. |
| RequestAdapter.MapTools | src/adapters/request_adapter.rs:54-66 | Same length; each tool's type, name, description and parameter schema are copied. |
| RequestAdapter.AdaptRequest | src/adapters/request_adapter.rs:28-88 | Never fails. Message count is the input count plus one exactly when a system string is given, and that string then leads as a System message. The input messages follow in order. Absent tools and tool_choice stay absent, and present ones are copied field by field. model, max_tokens and temperature are copied, incremental_output equals stream, and result_format is "message". |
| RequestAdapter.UnmapMapMessages | src/adapters/request_adapter.rs:40-51 | Unmapping the translated messages gives back the original messages. |
| RequestAdapter.UnmapMapTools | src/adapters/request_adapter.rs:54-66 | Unmapping the translated tools gives back the original tools. |
| RequestAdapter.AdaptRequestLosesNothing | src/adapters/request_adapter.rs:28-88 | Given only whether a system string was present, the original request can be rebuilt from the Qwen request. |
| RequestAdapter.SystemStringIndistinguishableFromSystemMessage | src/adapters/request_adapter.rs:32-51 | A system string and a leading System-role message give the same Qwen request, so that one bit is needed. |
| RequestAdapter.AdaptRequestExample | src/adapters/request_adapter.rs:95-120 | The unit test's request gives two messages, System then User, with max_tokens, temperature and model copied. |
| ResponseAdapter.MapToolCalls | src/adapters/response_adapter.rs:29-41 | Same length and order; id, type and name are copied, and the JSON arguments are printed to text. |
| ResponseAdapter.AdaptResponse | src/adapters/response_adapter.rs:25-62 | Never fails. The id is the supplied fresh id and the model is "qwen3-coder". Input and output token counts are copied. The response has exactly one choice: index 0, role Assistant, content from the first choice, finish reason passed through. Its tool calls are absent exactly when the source's are, and otherwise map one to one. |
| ResponseAdapter.AdaptResponseReadsOnlyFirstChoice | src/adapters/response_adapter.rs:26-60 | Responses that agree on the first choice and the input/output counts adapt identically. Later choices, total_tokens, request_id and the message role are ignored. |
| ResponseAdapter.AdaptResponseExample | src/adapters/response_adapter.rs:70-107 | The unit test's response gives a non-empty id, model "qwen3-coder", counts 10 and 15, and one Assistant choice with the text. |
| OpenAIResponseAdapter.TextBlocks | src/adapters/openai_response_adapter.rs:30-34 | A text block exists exactly when content is present, the empty string included. |
| OpenAIResponseAdapter.ToolUseBlocks | src/adapters/openai_response_adapter.rs:37-46 | The i-th call becomes the i-th tool-use block, with its id and name. Its input is the parsed arguments, or null when they do not parse. |
| OpenAIResponseAdapter.AdaptContent | src/adapters/openai_response_adapter.rs:27-46 | The content has (1 if text is present else 0) + (number of calls) blocks, with the text block first and the tool-use blocks after it in call order. |
| OpenAIResponseAdapter.AdaptResponse | src/adapters/openai_response_adapter.rs:25-66 | Always Ok. id and model are copied, type is "message", and role is the lowercase role name. stop_reason is the finish reason, and stop_sequence and container are absent. Missing usage gives zero counts, present usage gives prompt/completion tokens, and the cache counters are absent. |
| OpenAIResponseAdapter.ToolUseIdsOfBlocks | src/adapters/openai_response_adapter.rs:37-46 | Reading ids and names back off the tool-use blocks lists the calls in order. |
| OpenAIResponseAdapter.ToolUsesMatchCalls | src/adapters/openai_response_adapter.rs:27-46 | The tool uses of the adapted response are exactly the calls' ids and names in order; text never becomes a tool use. |
| OpenAIResponseAdapter.AdaptResponseReadsOnlyFirstChoice | src/adapters/openai_response_adapter.rs:25-66 | Only the first choice, id, model and usage affect the result. |
| OpenAIResponseAdapter.BadArgumentsBecomeNull | src/adapters/openai_response_adapter.rs:37-46 | For every call whose arguments the parser rejects, the response is still Ok. That call's block, right after the text block if there is one, is a tool use with the call's id and a null input. |
| StreamAdapter.ToolBlock | src/adapters/openai_stream_adapter.rs:71-80 | A tool-use block copies the call's optional id and function name. Its input is absent without arguments, the parsed arguments when they parse, and null otherwise. |
| StreamAdapter.OverwriteWithToolCalls | src/adapters/openai_stream_adapter.rs:69-83 | The last call that carries a function decides the block. With no such call, the block is unchanged. |
| StreamAdapter.LastFunctionCallExists | src/adapters/openai_stream_adapter.rs:69-83 | Either no call carries a function, or there is a last one that does. |
| StreamAdapter.ContentBlockFor | src/adapters/openai_stream_adapter.rs:57-83 | A tool call with a function wins over text. Text appears only when no such call exists, and otherwise there is no block. |
| StreamAdapter.TranslateChoice | src/adapters/openai_stream_adapter.rs:47-105 | The event type is message_stop if a finish reason is present, else message_start if a role is present, else content_block_delta. message is present exactly when a role is, carrying the chunk id, "message", the lowercase role and no content. delta is present exactly when a finish reason is, with no stop sequence. index is 0 and usage is absent. |
| StreamAdapter.AdaptChunkAsWritten | src/adapters/openai_stream_adapter.rs:25-45 | Panics exactly when there are no choices. It never returns an error, and what it returns never carries usage. |
| StreamAdapter.AdaptChunk | src/adapters/openai_stream_adapter.rs:25-45 | A chunk with no choices and usage gives the message_stop usage event with the prompt and completion counts. It panics only with neither choices nor usage. Otherwise it agrees with the as-written adapter. |
| StreamAdapter.UsageChunkLostAsWritten | src/adapters/openai_stream_adapter.rs:26-45 | Every terminal usage chunk panics as written, and the corrected adapter reports its usage. |
| StreamAdapter.ToolCallHidesText | src/adapters/openai_stream_adapter.rs:57-83 | A chunk with both text and a tool call with a function yields only the tool block, and the text is dropped. |
| StreamAdapter.ShortReplyExample | src/adapters/openai_stream_adapter.rs:47-105 | A role chunk gives message_start with an assistant message and no block. "Hello" and " world" each give a content_block_delta whose text block carries that fragment, with no message and no delta. A finish reason gives message_stop with the "stop" delta and no block. |
| TokenCounter.EstimateFromCounts | src/services/token_counter.rs:62-73 | The estimate is the least count whose 40-fold reaches 5·chars + 26·words, which is ceil((chars/4 + 1.3·words)/2) over the reals. |
| TokenCounter.CeilDiv40 | src/services/token_counter.rs:72 | The least count whose 40-fold reaches the input: the integer ceiling of a division by 40. |
| TokenCounter.EstimateIsCeiling | src/services/token_counter.rs:62-73 | `Estimate`, the function form of `estimate_tokens`, gives the least count whose 40-fold reaches five per character plus twenty-six per `split_whitespace` word. |
| TokenCounter.EstimateTokens | src/services/token_counter.rs:62-73 | Computes the estimate from the character and word counts. The empty text gives 0 and any other text at least 1. |
| TokenCounter.EstimateZeroExactlyForEmpty | src/services/token_counter.rs:62-73 | The estimate is 0 exactly for the empty text. |
| TokenCounter.EstimateFromCountsMonotone | src/services/token_counter.rs:62-73 | More characters or more words never lower the estimate. |
| TokenCounter.EstimatePrefixMonotone | src/services/token_counter.rs:62-73 | Extending a text never lowers its estimate. |
| TokenCounter.CountContentBlockTokens | src/services/token_counter.rs:43-60 | A block's count is the sum of its parts: text for Text; id, name and printed input for ToolUse; tool_use_id and content for ToolResult. |
| TokenCounter.CountTokens | src/services/token_counter.rs:9-41 | The loops return the sum of the estimates of every block text, system fragment, tool name and tool description, plus 50 per tool. |
| TokenCounter.CountBlocksTokens | src/services/token_counter.rs:15-17 | The loop over one message's blocks returns the sum of the estimates of every text the blocks contribute. |
| TokenCounter.CountMessagesTokens | src/services/token_counter.rs:13-19 | The loop over the messages returns the sum of the estimates of every text in every message's blocks. |
| TokenCounter.CountSystemTokens | src/services/token_counter.rs:22-26 | The loop over the system fragments returns the sum of the fragments' estimates. |
| TokenCounter.CountToolsTokens | src/services/token_counter.rs:29-36 | The loop over the tools returns the tools' count, which ToolsTokensIsSum shows is the name and description estimates plus 50 per tool. |
| TokenCounter.BlockTokensIsSum | src/services/token_counter.rs:43-60 | A block's count is the sum of estimates of exactly the texts it contributes. |
| TokenCounter.BlocksTokensIsSum | src/services/token_counter.rs:15-17 | The blocks' count is the sum of estimates over their texts in order. |
| TokenCounter.MessagesTokensIsSum | src/services/token_counter.rs:13-19 | The messages' count is the sum of estimates over all their texts. |
| TokenCounter.SystemTokensIsSum | src/services/token_counter.rs:22-26 | The system count is the sum of the fragments' estimates. |
| TokenCounter.ToolsTokensIsSum | src/services/token_counter.rs:29-36 | The tools' count is the sum of the name and description estimates, plus 50 per tool. |
| TokenCounter.TotalIsSumOverTexts | src/services/token_counter.rs:9-41 | The total is the sum of the estimates of every text the counter visits, plus 50 per tool. |
| TokenCounter.SumEstimatesAppend | src/services/token_counter.rs:9-41 | Summing estimates over two lists one after the other adds their sums. |
| TokenCounter.ToolsCostAtLeastOverhead | src/services/token_counter.rs:29-36 | Each tool costs at least the fixed 50. |
| TokenCounter.MessagesTokensAppend | src/services/token_counter.rs:13-19 | Splitting the message list anywhere splits the count. |
| TokenCounter.SystemTokensCoverEach | src/services/token_counter.rs:22-26 | Each fragment's estimate is part of the system count. |
| TokenCounter.EmptyRequestCountsZero | src/services/token_counter.rs:9-41 | A request whose lists are absent or empty counts 0. |
| TokenCounter.NonEmptySystemCountsPositive | src/services/token_counter.rs:99-117 | A system prompt with some non-empty text makes the total positive. |
| TokenCounter.HelloWorldWordCount | src/services/token_counter.rs:88 | "Hello, world!" has two words. |
| TokenCounter.HelloWorldCount | src/services/token_counter.rs:83-97 | The unit test's single message counts 3, which is between 0 and 50. |
| Proxy.Payload | src/services/proxy_service.rs:158 | The payload is no longer than the chunk and has no surrounding whitespace. |
| Proxy.ForwardedText | src/services/proxy_service.rs:151-193 | The text handed to `Event::data`: a read error gives "error: failed to read chunk". A chunk not starting with "data: " passes through verbatim. A "[DONE]" payload gives "[DONE]". An unparsable payload passes through trimmed. A failed adaptation gives "error: failed to adapt response". An adapted event is printed, or empty if printing fails. There is no text exactly where the adapter panics. |
| Proxy.ClassifyChunk | src/services/proxy_service.rs:151-195 | The chunk ends the stream exactly when the adapter panics or the forwarded text contains a carriage return (axum's `Event::data` panics on one). Otherwise the event's data is the forwarded text. Read errors and the signal never end the stream. |
| Proxy.CarriageReturnEndsStream | src/services/proxy_service.rs:185-187 | A passthrough line in CRLF form, ": ping\r\n\r\n", ends the stream whatever the adapter. |
| Proxy.EventsUntilAbort | src/services/proxy_service.rs:151-195 | Each outcome up to the first abort gives its event, in order. |
| Proxy.EventsUntilAbortAppend | src/services/proxy_service.rs:151-195 | After an abort-free run, later outcomes are translated as if on their own. |
| Proxy.Outcomes | src/services/proxy_service.rs:151 | One outcome per chunk, each the classification of that chunk. |
| Proxy.TranslateStream | src/services/proxy_service.rs:151-195 | The i-th event is the i-th chunk's classification, and the stream stops at the first panic, in the adapter or in `Event::data`. |
| Proxy.OneEventPerChunk | src/services/proxy_service.rs:151-195 | Without a panic, each upstream chunk gives exactly one downstream event. |
| Proxy.TranslateStreamAppend | src/services/proxy_service.rs:151-195 | Chunks are handled independently: concatenated streams give concatenated events. |
| Proxy.AsWrittenAdapterPanicsOnEmptyChunks | src/services/proxy_service.rs:165-177 | With the adapter as written, adaptation never fails. It panics exactly on a parsed chunk with no choices, with or without usage. |
| Proxy.CorrectedAdapterPanicsOnlyOnEmptyChunk | src/services/proxy_service.rs:165-177 | With the corrected adapter, adaptation never fails. It panics exactly on a parsed chunk with neither choices nor usage. |
| Proxy.UsageChunkEndsStreamAsWritten | src/services/proxy_service.rs:165-177 | The backend's closing usage chunk ends the stream with the as-written adapter. The corrected adapter forwards the printed usage event. |
| Proxy.CorrectedAgreesWhereAsWrittenForwards | src/services/proxy_service.rs:165-177 | Wherever the as-written adapter lets a chunk through, the corrected adapter forwards the same text. |
| Proxy.EventsUntilAbortPrefix | src/services/proxy_service.rs:151-195 | If one run of outcomes emits whatever another emits at the same place, the other's events are a prefix of its events. |
| Proxy.AsWrittenStreamIsPrefix | src/services/proxy_service.rs:151-195 | The as-written stream is a prefix of the corrected one. Where it is shorter, it stopped at a closing usage chunk. |
| Proxy.SignalLineForwardsSignal | src/services/proxy_service.rs:157-162 | A data line whose payload is "[DONE]" gives the "[DONE]" event whatever the adapter. |
| Proxy.DoneSignalUnderPrefixes | src/services/proxy_service.rs:157-162 | "[DONE]" under any number of "data: " prefixes gives the "[DONE]" event. |
| Proxy.DoneSignalWithBlankLines | src/services/proxy_service.rs:157-162 | "data: [DONE]" followed by blank lines gives the "[DONE]" event. |
| Proxy.PrefixWithoutSpaceIsNotData | src/services/proxy_service.rs:157-187 | "data:[DONE]" without the space is forwarded verbatim, because the prefix test is literal. |
| Proxy.HandleNonStream | src/services/proxy_service.rs:74-119 | 400 exactly when the request cannot be adapted. A message reply means every step succeeded and carries the adapted first choice. |
| Proxy.HandleStream | src/services/proxy_service.rs:122-205 | 400 exactly when the request cannot be adapted, and 500 exactly when sending fails. Otherwise the reply is the chunk stream of the request sent with stream = true, translated with the adapter as written. |
| Proxy.HandleStreamCorrected | src/services/proxy_service.rs:122-205 | With the corrected adapter, the handler gives the same status replies. Its event stream extends the as-written handler's stream. |
| Proxy.HandleMessages | src/services/proxy_service.rs:59-71 | stream = true takes the streaming path. An absent or false flag takes the non-streaming path. |
| Proxy.StatusCodes | src/services/proxy_service.rs:59-146 | 400 exactly on request-adaptation failure. 500 exactly on send failure, or on body-parse failure without streaming. A crash exactly when a parsed non-streamed reply has no choices. The handler produces no other status. |
| Proxy.StreamFlagForced | src/services/proxy_service.rs:129-141 | The streamed reply does not depend on the stream flag the request adapter set. |
| Proxy.HandleCountTokens | src/services/proxy_service.rs:207-216 | Always answers, with the sum of estimates over every counted text plus 50 per tool. |
| Proxy.Fallback | src/services/proxy_service.rs:218-266 | Every unmatched route gets status 404. The body is a single "error" object with exactly four members: message "Not Found", type "invalid_request_error", and param and code null. |
| Proxy.FallbackIgnoresRequest | src/services/proxy_service.rs:218-266 | The fallback reply is the same whatever the method, path, headers and body. |

## Left out

- Network I/O is left out. The HTTP clients, the axum router, the logging middleware, the SSE
  keep-alive and the health check are not modelled, because they are I/O with no translation logic.
  The backend call is the `send` parameter of `Proxy.Env`.
- Configuration loading, the CLI and `main` are left out, because they are file-system and process
  plumbing.
- serde is left out. JSON parsing and printing, and the serde parse tests of the Messages records, are
  represented by the uninterpreted codec parameters.
- `ClaudeMessagesToOpenAIAdapter` is not part of this model. It is the `adaptRequest` parameter, and
  the lib.rs test that exercises it is not modelled.
- UUID generation is not modelled. The fresh response id is the `uuid` parameter of
  `ResponseAdapter.AdaptResponse`.
- temperature and top_p are carried as opaque f32 bit patterns, because they are only copied.
- The tracing hooks around `do_adapt` (`before_adapt`, `after_adapt`) are not modelled, because they
  only log.
- TokenCounter.EstimateFromCounts: computes ceil((5·chars + 26·words)/40) exactly, not in f32. f32
  rounding of 1.3·words and of the sum can differ from the exact value when the quotient falls on or
  next to an integer. `char_count as f32` is also inexact above 2^24 characters, which the exact
  count does not reproduce.
- TokenCounter.CountTokens: the total is an unbounded natural number. The source adds in u32, which
  overflows for very large requests (wrap-around in release builds, a panic in debug builds).
- Text.ToLowercase: lowercases ASCII letters only. The source applies it only to role display names,
  which are ASCII.
- Proxy.ClassifyChunk: chunks arrive as text, so the lossy UTF-8 decoding of each byte chunk is not
  modelled. axum's `Event::data` writes data containing line feeds as several `data:` lines; the
  model keeps such data as one string. Its panic on a carriage return is axum's documented
  behaviour, not code in this repository, and is modelled as the end of the stream.
- CountTokensModel.ClaudeCountTokensRequest: `messages` holds `ClaudeMessages.Message` values with
  content-block lists, because src/services/token_counter.rs:14-15 and its test at lines 86-89 walk
  them that way. src/models/claude_count_tokens.rs:8 declares the field as `Option<Vec<InputMessage>>`
  instead, so the two source files disagree, and the model follows the counter.
- Proxy.StatusCodes: covers the handlers only. axum's `Json` extractor (src/services/proxy_service.rs:61
  and :210) rejects an unparsable request body with its own 4xx reply before any handler runs; the
  model starts from a parsed request.
- Proxy.TranslateStream: a panic in the per-chunk closure is modelled as the end of the stream. What
  axum and the client see after that panic is outside this model.
- ResponseAdapter.AdaptResponse: requires at least one choice. The source panics on an empty list at
  src/adapters/response_adapter.rs:26.
- OpenAIResponseAdapter.AdaptResponse: requires at least one choice. The source panics on an empty
  list; `Proxy.HandleNonStream` models that panic as `Crash`.
- Qwen stream records are declared but no adapter in the modelled files consumes them.

## Findings

| source | as written | input that shows it | evidently intended | confidence | as-written member | corrected member |
|---|---|---|---|---|---|---|
| src/adapters/openai_stream_adapter.rs:26-45 | `choices[0]` is indexed before the emptiness test, so a chunk with no choices panics and the usage branch can never run | a chunk with `choices: []` and `usage: {prompt_tokens: 10, completion_tokens: 5}` | test for an empty choice list first and emit the message_stop usage event with input 10, output 5 | not executed | StreamAdapter.AdaptChunkAsWritten (counterexample: StreamAdapter.UsageChunkLostAsWritten) | StreamAdapter.AdaptChunk |
