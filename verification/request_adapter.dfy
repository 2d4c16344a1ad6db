/** `ClaudeToQwenAdapter` (src/adapters/request_adapter.rs): a legacy Claude
    request becomes a Qwen request. */
module RequestAdapter {
  import opened Base
  import Claude
  import Qwen

  /** The adapter's error type; `AdaptRequest` never produces one. */
  datatype AdaptError = AdaptError(message: string)

  /** Roles map one to one. */
  function MapRole(r: Claude.ClaudeRole): Qwen.QwenRole {
    match r
    case User => Qwen.User
    case Assistant => Qwen.Assistant
    case System => Qwen.System
  }

  /** The reverse of `MapRole`, used to state that no role is confused. */
  function UnmapRole(r: Qwen.QwenRole): Claude.ClaudeRole {
    match r
    case User => Claude.User
    case Assistant => Claude.Assistant
    case System => Claude.System
  }

  /** The role mapping is total and loses nothing: every role comes back. */
  lemma RoleMappingIsBijective(r: Claude.ClaudeRole, q: Qwen.QwenRole)
    ensures UnmapRole(MapRole(r)) == r
    ensures MapRole(UnmapRole(q)) == q
    ensures r.User? <==> MapRole(r).User?
    ensures r.Assistant? <==> MapRole(r).Assistant?
    ensures r.System? <==> MapRole(r).System?
  {
  }

  function MapMessage(m: Claude.ClaudeMessage): Qwen.QwenMessage {
    Qwen.QwenMessage(MapRole(m.role), m.content)
  }

  /** The message loop: one Qwen message per Claude message, same order,
      role mapped and content unchanged. */
  function MapMessages(ms: seq<Claude.ClaudeMessage>): (qs: seq<Qwen.QwenMessage>)
    ensures |qs| == |ms|
    ensures forall i | 0 <= i < |ms| ::
      qs[i].role == MapRole(ms[i].role) && qs[i].content == ms[i].content
  {
    if |ms| == 0 then [] else [MapMessage(ms[0])] + MapMessages(ms[1..])
  }

  function MapTool(t: Claude.ToolDefinition): Qwen.ToolDefinition {
    Qwen.ToolDefinition(
      t.toolType,
      Qwen.FunctionDefinition(t.func.name, t.func.description, t.func.parameters))
  }

  /** The tools loop: same length, each tool's type, name, description and
      parameter schema copied. */
  function MapTools(ts: seq<Claude.ToolDefinition>): (qs: seq<Qwen.ToolDefinition>)
    ensures |qs| == |ts|
    ensures forall i | 0 <= i < |ts| ::
      && qs[i].toolType == ts[i].toolType
      && qs[i].func.name == ts[i].func.name
      && qs[i].func.description == ts[i].func.description
      && qs[i].func.parameters == ts[i].func.parameters
  {
    if |ts| == 0 then [] else [MapTool(ts[0])] + MapTools(ts[1..])
  }

  function MapToolChoice(c: Claude.ToolChoice): Qwen.ToolChoice {
    Qwen.ToolChoice(
      c.choiceType,
      match c.func
      case Some(f) => Some(Qwen.FunctionChoice(f.name))
      case None => None)
  }

  /** The system message, when there is one, as a list of at most one message. */
  function SystemPrefix(system: Option<string>): seq<Qwen.QwenMessage> {
    match system
    case Some(text) => [Qwen.QwenMessage(Qwen.System, text)]
    case None => []
  }

  /** `ClaudeToQwenAdapter::do_adapt`. */
  function AdaptRequest(req: Claude.ClaudeRequest): (r: Result<Qwen.QwenRequest, AdaptError>)
    ensures r.Ok?
    // the system string, if any, leads as a System message
    ensures |r.value.input.messages| == |req.messages| + (if req.system.Some? then 1 else 0)
    ensures req.system.Some? ==>
      r.value.input.messages[0] == Qwen.QwenMessage(Qwen.System, req.system.value)
    // then every input message, in order, role mapped and content unchanged
    ensures var off := if req.system.Some? then 1 else 0;
      forall i | 0 <= i < |req.messages| ::
        && r.value.input.messages[off + i].role == MapRole(req.messages[i].role)
        && r.value.input.messages[off + i].content == req.messages[i].content
    // tools: absent stays absent, present maps element by element
    ensures req.tools.None? <==> r.value.parameters.tools.None?
    ensures req.tools.Some? ==> |r.value.parameters.tools.value| == |req.tools.value|
    ensures req.tools.Some? ==> forall i | 0 <= i < |req.tools.value| ::
      && r.value.parameters.tools.value[i].toolType == req.tools.value[i].toolType
      && r.value.parameters.tools.value[i].func.name == req.tools.value[i].func.name
      && r.value.parameters.tools.value[i].func.description == req.tools.value[i].func.description
      && r.value.parameters.tools.value[i].func.parameters == req.tools.value[i].func.parameters
    // tool choice: absent stays absent, present copies type and function name
    ensures req.toolChoice.None? <==> r.value.parameters.toolChoice.None?
    ensures req.toolChoice.Some? ==>
      && r.value.parameters.toolChoice.value.choiceType == req.toolChoice.value.choiceType
      && (req.toolChoice.value.func.None? <==> r.value.parameters.toolChoice.value.func.None?)
      && (req.toolChoice.value.func.Some? ==>
            r.value.parameters.toolChoice.value.func.value.name == req.toolChoice.value.func.value.name)
    // parameters
    ensures r.value.model == req.model
    ensures r.value.parameters.maxTokens == req.maxTokens
    ensures r.value.parameters.temperature == req.temperature
    ensures r.value.parameters.incrementalOutput == req.stream
    ensures r.value.parameters.resultFormat == Some("message")
  {
    var tools := match req.tools
      case Some(ts) => Some(MapTools(ts))
      case None => None;
    var toolChoice := match req.toolChoice
      case Some(c) => Some(MapToolChoice(c))
      case None => None;
    Ok(Qwen.QwenRequest(
      req.model,
      Qwen.QwenInput(SystemPrefix(req.system) + MapMessages(req.messages)),
      Qwen.QwenParameters(req.maxTokens, req.temperature, req.stream, Some("message"), tools, toolChoice)))
  }

  /* ---------------------------------------------------------------------
     The inverse direction: what a Qwen request says about the Claude
     request it came from.
     --------------------------------------------------------------------- */

  function UnmapMessages(qs: seq<Qwen.QwenMessage>): (ms: seq<Claude.ClaudeMessage>)
    ensures |ms| == |qs|
  {
    if |qs| == 0 then [] else [Claude.ClaudeMessage(UnmapRole(qs[0].role), qs[0].content)] + UnmapMessages(qs[1..])
  }

  function UnmapTools(qs: seq<Qwen.ToolDefinition>): (ts: seq<Claude.ToolDefinition>)
    ensures |ts| == |qs|
  {
    if |qs| == 0 then []
    else
      var q := qs[0];
      [Claude.ToolDefinition(q.toolType, Claude.FunctionDefinition(q.func.name, q.func.description, q.func.parameters))]
        + UnmapTools(qs[1..])
  }

  function UnmapToolChoice(c: Qwen.ToolChoice): Claude.ToolChoice {
    Claude.ToolChoice(
      c.choiceType,
      match c.func
      case Some(f) => Some(Claude.FunctionChoice(f.name))
      case None => None)
  }

  /** Rebuilds a Claude request from a Qwen one, given whether the first
      message stands for a system string. */
  function RestoreRequest(q: Qwen.QwenRequest, hasSystem: bool): Claude.ClaudeRequest
    requires hasSystem ==> |q.input.messages| > 0
  {
    var ms := q.input.messages;
    Claude.ClaudeRequest(
      q.model,
      UnmapMessages(if hasSystem then ms[1..] else ms),
      q.parameters.maxTokens,
      q.parameters.temperature,
      q.parameters.incrementalOutput,
      if hasSystem then Some(ms[0].content) else None,
      match q.parameters.tools
      case Some(ts) => Some(UnmapTools(ts))
      case None => None,
      match q.parameters.toolChoice
      case Some(c) => Some(UnmapToolChoice(c))
      case None => None)
  }

  lemma {:induction false} UnmapMapMessages(ms: seq<Claude.ClaudeMessage>)
    ensures UnmapMessages(MapMessages(ms)) == ms
  {
    if |ms| > 0 {
      assert MapMessages(ms)[1..] == MapMessages(ms[1..]);
      UnmapMapMessages(ms[1..]);
      RoleMappingIsBijective(ms[0].role, Qwen.User);
    }
  }

  lemma {:induction false} UnmapMapTools(ts: seq<Claude.ToolDefinition>)
    ensures UnmapTools(MapTools(ts)) == ts
  {
    if |ts| > 0 {
      assert MapTools(ts)[1..] == MapTools(ts[1..]);
      UnmapMapTools(ts[1..]);
    }
  }

  /** Nothing the Claude request says is lost: knowing only whether a system
      string was present, the request can be rebuilt from the adapter's output. */
  lemma AdaptRequestLosesNothing(req: Claude.ClaudeRequest)
    ensures AdaptRequest(req).Ok?
    ensures RestoreRequest(AdaptRequest(req).value, req.system.Some?) == req
  {
    var q := AdaptRequest(req).value;
    var back := RestoreRequest(q, req.system.Some?);
    assert back.messages == req.messages by {
      assert q.input.messages == SystemPrefix(req.system) + MapMessages(req.messages);
      assert (if req.system.Some? then q.input.messages[1..] else q.input.messages) == MapMessages(req.messages);
      UnmapMapMessages(req.messages);
    }
    assert back.tools == req.tools by {
      if req.tools.Some? {
        UnmapMapTools(req.tools.value);
      }
    }
    assert back.toolChoice == req.toolChoice;
    assert back.system == req.system;
  }

  /** ...but that one bit is needed: a system string and a leading message
      with role System produce the same Qwen request. */
  lemma SystemStringIndistinguishableFromSystemMessage(req: Claude.ClaudeRequest, text: string)
    requires req.system == None
    ensures AdaptRequest(req.(system := Some(text)))
         == AdaptRequest(req.(messages := [Claude.ClaudeMessage(Claude.System, text)] + req.messages))
  {
    var ms := [Claude.ClaudeMessage(Claude.System, text)] + req.messages;
    assert ms[1..] == req.messages;
    assert MapMessages(ms) == [Qwen.QwenMessage(Qwen.System, text)] + MapMessages(req.messages);
    assert SystemPrefix(Some(text)) + MapMessages(req.messages) == SystemPrefix(None) + MapMessages(ms);
  }

  /** The source's own test case: a system string and one user message give
      two Qwen messages, System then User, with the parameters copied. */
  lemma AdaptRequestExample(model: string, temperature: F32)
    ensures var req := Claude.ClaudeRequest(
              model, [Claude.ClaudeMessage(Claude.User, "Hello, world!")], Some(100), Some(temperature),
              Some(false), Some("You are a helpful assistant"), None, None);
            var q := AdaptRequest(req).value;
            && |q.input.messages| == 2
            && q.input.messages[0].role == Qwen.System
            && q.input.messages[1].role == Qwen.User
            && q.parameters.maxTokens == Some(100)
            && q.parameters.temperature == Some(temperature)
            && q.model == model
  {
  }
}
